/**
 * The shapefile loader's process! step (CartoDB::Import::SHP,
 * lib/importer/lib/cartodb-importer/loaders/shp.rb:7-106) as a class whose
 * method changes the same state the Ruby object changes: the run log, the
 * calls on the DataImport record, the statements sent to the database
 * connection, the table_created flag, the loader's own log and the files it
 * removes.
 *
 * The external programs and the clock are inputs (External); the database
 * connection is a recorder whose answers come from a fixed oracle
 * (Database). ProcessEffects states, as a function of those inputs, what
 * one run appends to each piece of state and how it ends; Loader.Process is
 * proved to do exactly that.
 */
module ShpLoader {

  import opened Wrappers
  import opened Sequences
  import opened RubyText
  import opened RubySplit
  import opened ShpCommands

  /** One call the loader makes on its DataImport record. */
  datatype ImportEvent =
    | ErrorCodeSet(code: int)         // set_error_code(code)
    | ErrorLogged(message: string)    // log_error(message)
    | NilErrorLogged                  // log_error(err), err never assigned
    | UpdateLogged(message: string)   // log_update(message)

  /** A file the loader deletes. */
  datatype FileEvent =
    | TreeRemoved(path: string)       // FileUtils.rm_rf(entry)
    | ImportFileUnlinked              // @import_from_file.unlink

  /** The message of the NoMethodError `.first[:type]` raises when the probe finds no row. */
  const NoRowError: string := "undefined method `[]' for nil:NilClass"

  /**
   * How the database answers: the message of the exception a statement
   * raises (statements not in `failures` succeed), the "type" column of a
   * query's first row and the "count" column of a count query's first row
   * (a query missing from `types` or `counts` returns no row).
   */
  datatype Database = Database(
    failures: map<string, string>,
    types: map<string, string>,
    counts: map<string, nat>)
  {
    /** The exception `sql` raises, if any. */
    function Fails(sql: string): Option<string>
    {
      if sql in failures then Some(failures[sql]) else None
    }

    /** The "type" column of the first row `sql` returns, if there is a row. */
    function FirstType(sql: string): Option<string>
    {
      if sql in types then Some(types[sql]) else None
    }

    /** The "count" column of the first row `sql` returns, if there is a row. */
    function FirstCount(sql: string): Option<nat>
    {
      if sql in counts then Some(counts[sql]) else None
    }
  }

  /** What the external programs and the clock gave this run. */
  datatype External = External(
    whichOutput: string,        // output of `which shp2pgsql`, before strip
    normalizerOutput: string,   // output of the normalizer command
    lastStatus: Option<int>,    // $?.exitstatus where it is tested; None when the child had none
    psqlStdout: string,         // what stdout.read gives for the pipeline
    timestamp: int)             // Time.now.to_i

  /** The loader's instance variables that process! only reads. */
  datatype LoaderConfig = LoaderConfig(
    pythonBin: string,
    normalizerScript: string,   // the expanded path of shp_normalizer.py
    psqlBin: string,
    path: string,
    suggestedName: string,
    db: DbConfig,
    entries: seq<string>,
    importType: string)

  /** The run log handed to the loader and returned inside the payload. */
  class RunLog {
    var log: seq<string>
    var stdout: seq<string>
    var err: seq<string>

    constructor ()
      ensures log == [] && stdout == [] && err == []
    {
      log, stdout, err := [], [], [];
    }
  }

  /** The persisted import record, as the calls the loader makes on it. */
  class DataImport {
    var events: seq<ImportEvent>

    constructor ()
      ensures events == []
    {
      events := [];
    }

    method SetErrorCode(code: int)
      modifies this
      ensures events == old(events) + [ErrorCodeSet(code)]
    {
      events := events + [ErrorCodeSet(code)];
    }

    method LogError(message: string)
      modifies this
      ensures events == old(events) + [ErrorLogged(message)]
    {
      events := events + [ErrorLogged(message)];
    }

    method LogNilError()
      modifies this
      ensures events == old(events) + [NilErrorLogged]
    {
      events := events + [NilErrorLogged];
    }

    method LogUpdate(message: string)
      modifies this
      ensures events == old(events) + [UpdateLogged(message)]
    {
      events := events + [UpdateLogged(message)];
    }
  }

  /** The database connection: it records every statement and answers from `db`. */
  class Connection {
    const db: Database
    var issued: seq<string>

    constructor (db: Database)
      ensures this.db == db && issued == []
    {
      this.db := db;
      issued := [];
    }

    /** @db_connection.run(sql) */
    method Run(sql: string) returns (exception: Option<string>)
      modifies this
      ensures issued == old(issued) + [sql]
      ensures exception == db.Fails(sql)
    {
      issued := issued + [sql];
      exception := db.Fails(sql);
    }

    /** @db_connection[sql].first[:type], before the row is looked at. */
    method FirstType(sql: string) returns (exception: Option<string>, row: Option<string>)
      modifies this
      ensures issued == old(issued) + [sql]
      ensures exception == db.Fails(sql)
      ensures exception.None? ==> row == db.FirstType(sql)
    {
      issued := issued + [sql];
      exception := db.Fails(sql);
      row := if exception.None? then db.FirstType(sql) else None;
    }

    /**
     * @db_connection[sql].first[:count]: the query's own exception, or the
     * NoMethodError of indexing a missing row.
     */
    method FirstCount(sql: string) returns (exception: Option<string>, count: nat)
      modifies this
      ensures issued == old(issued) + [sql]
      ensures exception == CountException(db, sql)
      ensures exception.None? ==> db.FirstCount(sql) == Some(count)
    {
      issued := issued + [sql];
      exception := CountException(db, sql);
      count := if exception.None? then db.FirstCount(sql).value else 0;
    }
  }

  /** What reading the count of `sql` raises: the query's exception, or NoRowError when it returns no row. */
  function CountException(db: Database, sql: string): (r: Option<string>)
    ensures r.None? <==> db.Fails(sql).None? && db.FirstCount(sql).Some?
  {
    if db.Fails(sql).Some? then db.Fails(sql)
    else if db.FirstCount(sql).None? then Some(NoRowError)
    else None
  }

  /** The second element of process!'s result. */
  datatype Payload = Payload(name: string, rowsImported: nat, importType: string, log: RunLog)

  /**
   * How process! ends: raising after recording error code 4 or 8, raising
   * the exception of the row count query, or returning the payload.
   */
  datatype Outcome =
    | Aborted(code: int, message: string)
    | Raised(exception: string)
    | Imported(payload: Payload)

  /** The statements the reprojection block issues, and the exception that ends it early. */
  datatype Reprojection = Reprojection(issued: seq<string>, exception: Option<string>)

  /** The begin block at shp.rb:68-74 run against the staging table `t`. */
  function Reproject(t: string, db: Database): Reprojection {
    var s1 := RenameGeometryColumn(t);
    var s2 := ProbeGeometryType(t);
    if db.Fails(s1).Some? then Reprojection([s1], db.Fails(s1))
    else if db.Fails(s2).Some? then Reprojection([s1, s2], db.Fails(s2))
    else if db.FirstType(s2).None? then Reprojection([s1, s2], Some(NoRowError))
    else
      var s3 := AddGeometryColumn(t, db.FirstType(s2).value);
      var s4, s5, s6 := TransformGeometry(t), DropOriginalGeometry(t), CreateGeometryIndex(t);
      if db.Fails(s3).Some? then Reprojection([s1, s2, s3], db.Fails(s3))
      else if db.Fails(s4).Some? then Reprojection([s1, s2, s3, s4], db.Fails(s4))
      else if db.Fails(s5).Some? then Reprojection([s1, s2, s3, s4, s5], db.Fails(s5))
      else Reprojection([s1, s2, s3, s4, s5, s6], db.Fails(s6))
  }

  /** The events of a reprojection of SRID `srid` that ended with `exception`. */
  function ReprojectionEvents(srid: string, exception: Option<string>): seq<ImportEvent> {
    [UpdateLogged(ReprojectingMessage(srid))]
    + (if exception.Some?
       then [ErrorCodeSet(7), ErrorLogged(exception.value), ErrorLogged(ConvertFailedMessage(srid))]
       else [])
  }

  /** The events of a rename that ended with `exception`. */
  function RenameEvents(staging: string, suggested: string, exception: Option<string>): seq<ImportEvent> {
    if exception.Some?
    then [ErrorCodeSet(9), ErrorLogged(exception.value), ErrorLogged(RenameFailedMessage(staging, suggested))]
    else []
  }

  /** The removals of the extracted entries: one tree removal per entry, in list order. */
  function RemovalEvents(entries: seq<string>): seq<FileEvent> {
    if entries == [] then []
    else RemovalEvents(entries[..|entries| - 1]) + [TreeRemoved(entries[|entries| - 1])]
  }

  function Listed(x: Option<string>): seq<string> {
    if x.Some? then [x.value] else []
  }

  /** What one run of process! appends to each piece of state, and how it ends. */
  datatype Effects = Effects(
    loaderLog: seq<string>,
    log: seq<string>,
    stdout: seq<string>,
    err: seq<string>,
    events: seq<ImportEvent>,
    issued: seq<string>,
    createsTable: bool,
    files: seq<FileEvent>,
    outcome: Outcome)

  /** What one guarded database step appends to the run log's err, the import events and the statements. */
  datatype StepEffects = StepEffects(err: seq<string>, events: seq<ImportEvent>, issued: seq<string>)

  /** shp.rb:66-81: reproject the staging table unless the SRID field is "4326". */
  function ReprojectionStep(staging: string, srid: string, db: Database): StepEffects {
    if srid == TargetSrid then StepEffects([], [], [])
    else
      var rp := Reproject(staging, db);
      StepEffects(Listed(rp.exception), ReprojectionEvents(srid, rp.exception), rp.issued)
  }

  /** shp.rb:83-91: rename the staging table to the suggested name. */
  function RenameStep(staging: string, suggested: string, db: Database): StepEffects {
    var rename := RenameTable(staging, suggested);
    StepEffects(Listed(db.Fails(rename)), RenameEvents(staging, suggested, db.Fails(rename)), [rename])
  }

  /**
   * What the steps after a successful load (shp.rb:49-105) append: psql's
   * output, the reprojection, the rename, the removals, the row count and
   * the payload. The loader's own log and the run log's lines are not
   * touched by these steps.
   */
  function LoadedEffects(cfg: LoaderConfig, staging: string, srid: string, psqlStdout: string,
                         db: Database, runlog: RunLog): Effects
  {
    var rp := ReprojectionStep(staging, srid, db);
    var rn := RenameStep(staging, cfg.suggestedName, db);
    var count := CountRows(cfg.suggestedName);
    Effects([], [],
            if psqlStdout == "" then [] else [psqlStdout],
            rp.err + rn.err,
            rp.events + rn.events,
            rp.issued + rn.issued + [count],
            db.Fails(RenameTable(staging, cfg.suggestedName)).None?,
            RemovalEvents(cfg.entries) + (if CountException(db, count).None? then [ImportFileUnlinked] else []),
            if CountException(db, count).Some? then Raised(CountException(db, count).value)
            else Imported(Payload(cfg.suggestedName, db.FirstCount(count).value, cfg.importType, runlog)))
  }

  /**
   * shp.rb:34-105: what happens once the normalizer's output has split into
   * four fields, given the shp2pgsql command those fields make, the
   * pipeline it runs in and the SRID field.
   */
  function FieldsEffects(cfg: LoaderConfig, ext: External, command: string, pipeline: string,
                         staging: string, srid: string, db: Database, runlog: RunLog): Effects
  {
    if ext.lastStatus != Some(0) then
      Effects([RunningMessage(pipeline)], [], [], [],
              [UpdateLogged(command), ErrorCodeSet(8), NilErrorLogged, ErrorLogged(SqlFailedMessage(cfg.path))],
              [], false, [], Aborted(8, SqlFailedMessage(cfg.path)))
    else
      var rest := LoadedEffects(cfg, staging, srid, ext.psqlStdout, db, runlog);
      rest.(loaderLog := [RunningMessage(pipeline)], events := [UpdateLogged(command)] + rest.events)
  }

  /** The whole of process!: shp.rb:7-106. */
  function ProcessEffects(cfg: LoaderConfig, ext: External, db: Database, runlog: RunLog): Effects {
    var bin := Strip(ext.whichOutput);
    var staging := StagingName(ext.timestamp, cfg.suggestedName);
    var normalizer := NormalizerCommand(cfg.pythonBin, cfg.normalizerScript, cfg.path, staging);
    var out := ext.normalizerOutput;
    var f := Split(out, 4);
    if |f| != 4 then
      Effects([ProcessingMessage], [NormalizerErrorLine(normalizer)], [out], [],
              [UpdateLogged(NormalizerRunning), ErrorCodeSet(4), ErrorLogged(normalizer), ErrorLogged(out),
               ErrorLogged(NormalizerFailed)],
              [], false, [], Aborted(4, NormalizerErrorLine(normalizer)))
    else
      var rest := FieldsEffects(cfg, ext, Shp2pgsqlCommand(bin, f), PipelineCommand(bin, f, cfg.psqlBin, cfg.db),
                                staging, f[0], db, runlog);
      rest.(loaderLog := [ProcessingMessage] + rest.loaderLog,
            events := [UpdateLogged(NormalizerRunning)] + rest.events)
  }

  /** CartoDB::Import::SHP, with the state process! touches. */
  class Loader {
    const config: LoaderConfig
    const runlog: RunLog
    const dataImport: DataImport
    const conn: Connection
    var tableCreated: bool
    var loaderLog: seq<string>     // the messages passed to the inherited `log` helper
    var files: seq<FileEvent>

    constructor (config: LoaderConfig, runlog: RunLog, dataImport: DataImport, conn: Connection)
      ensures this.config == config && this.runlog == runlog
      ensures this.dataImport == dataImport && this.conn == conn
      ensures !tableCreated && loaderLog == [] && files == []
    {
      this.config := config;
      this.runlog := runlog;
      this.dataImport := dataImport;
      this.conn := conn;
      tableCreated := false;
      loaderLog := [];
      files := [];
    }

    method Log(message: string)
      modifies this`loaderLog
      ensures loaderLog == old(loaderLog) + [message]
    {
      loaderLog := loaderLog + [message];
    }

    /** The reprojection block at shp.rb:68-74, up to the first exception. */
    method ReprojectStaging(t: string) returns (exception: Option<string>)
      modifies conn
      ensures conn.issued == old(conn.issued) + Reproject(t, conn.db).issued
      ensures exception == Reproject(t, conn.db).exception
    {
      exception := conn.Run(RenameGeometryColumn(t));
      if exception.Some? {
        return;
      }
      var row;
      exception, row := conn.FirstType(ProbeGeometryType(t));
      if exception.Some? {
        return;
      }
      if row.None? {
        return Some(NoRowError);
      }
      exception := conn.Run(AddGeometryColumn(t, row.value));
      if exception.Some? {
        return;
      }
      exception := conn.Run(TransformGeometry(t));
      if exception.Some? {
        return;
      }
      exception := conn.Run(DropOriginalGeometry(t));
      if exception.Some? {
        return;
      }
      exception := conn.Run(CreateGeometryIndex(t));
    }

    /** Removes every extracted entry, one after another in the order they are listed. */
    method RemoveEntries()
      modifies this`files
      ensures files == old(files) + RemovalEvents(config.entries)
    {
      var i := 0;
      while i < |config.entries|
        invariant 0 <= i <= |config.entries|
        invariant files == old(files) + RemovalEvents(config.entries[..i])
      {
        assert config.entries[..i + 1][..i] == config.entries[..i];
        files := files + [TreeRemoved(config.entries[i])];
        i := i + 1;
      }
      assert config.entries[..i] == config.entries;
    }

    /** process! */
    method Process(ext: External) returns (outcome: Outcome)
      modifies this, runlog, dataImport, conn
      ensures var e := ProcessEffects(config, ext, conn.db, runlog);
        && loaderLog == old(loaderLog) + e.loaderLog
        && runlog.log == old(runlog.log) + e.log
        && runlog.stdout == old(runlog.stdout) + e.stdout
        && runlog.err == old(runlog.err) + e.err
        && dataImport.events == old(dataImport.events) + e.events
        && conn.issued == old(conn.issued) + e.issued
        && tableCreated == (old(tableCreated) || e.createsTable)
        && files == old(files) + e.files
        && outcome == e.outcome
    {
      Log(ProcessingMessage);
      var bin := Strip(ext.whichOutput);
      var staging := StagingName(ext.timestamp, config.suggestedName);
      dataImport.LogUpdate(NormalizerRunning);
      var normalizer := NormalizerCommand(config.pythonBin, config.normalizerScript, config.path, staging);
      var out := ext.normalizerOutput;
      var fields := Split(out, 4);
      ghost var loaderLog1, events1 := loaderLog, dataImport.events;
      if |fields| != 4 {
        outcome := AbortNormalizer(normalizer, out);
      } else {
        var command := Shp2pgsqlCommand(bin, fields);
        var pipeline := PipelineCommand(bin, fields, config.psqlBin, config.db);
        ghost var rest := FieldsEffects(config, ext, command, pipeline, staging, fields[0], conn.db, runlog);
        outcome := RunWithFields(ext, command, pipeline, staging, fields[0]);
        AppendAssoc(old(loaderLog), [ProcessingMessage], rest.loaderLog);
        AppendAssoc(old(dataImport.events), [UpdateLogged(NormalizerRunning)], rest.events);
      }
    }

    /** shp.rb:23-32: the normalizer's output did not split into four fields. */
    method AbortNormalizer(normalizer: string, out: string) returns (outcome: Outcome)
      modifies runlog, dataImport
      ensures runlog.log == old(runlog.log) + [NormalizerErrorLine(normalizer)]
      ensures runlog.stdout == old(runlog.stdout) + [out]
      ensures runlog.err == old(runlog.err)
      ensures dataImport.events == old(dataImport.events)
        + [ErrorCodeSet(4), ErrorLogged(normalizer), ErrorLogged(out), ErrorLogged(NormalizerFailed)]
      ensures outcome == Aborted(4, NormalizerErrorLine(normalizer))
    {
      runlog.log := runlog.log + [NormalizerErrorLine(normalizer)];
      runlog.stdout := runlog.stdout + [out];
      dataImport.SetErrorCode(4);
      dataImport.LogError(normalizer);
      dataImport.LogError(out);
      dataImport.LogError(NormalizerFailed);
      outcome := Aborted(4, NormalizerErrorLine(normalizer));
    }

    /** shp.rb:34-105, once the output has split into four fields. */
    method RunWithFields(ext: External, command: string, pipeline: string, staging: string, srid: string)
      returns (outcome: Outcome)
      modifies this, runlog, dataImport, conn
      ensures var e := FieldsEffects(config, ext, command, pipeline, staging, srid, conn.db, runlog);
        && loaderLog == old(loaderLog) + e.loaderLog
        && runlog.log == old(runlog.log) + e.log
        && runlog.stdout == old(runlog.stdout) + e.stdout
        && runlog.err == old(runlog.err) + e.err
        && dataImport.events == old(dataImport.events) + e.events
        && conn.issued == old(conn.issued) + e.issued
        && tableCreated == (old(tableCreated) || e.createsTable)
        && files == old(files) + e.files
        && outcome == e.outcome
    {
      dataImport.LogUpdate(command);
      Log(RunningMessage(pipeline));
      if ext.lastStatus != Some(0) {
        dataImport.SetErrorCode(8);
        dataImport.LogNilError();
        dataImport.LogError(SqlFailedMessage(config.path));
        outcome := Aborted(8, SqlFailedMessage(config.path));
      } else {
        ghost var events0 := dataImport.events;
        ghost var rest := LoadedEffects(config, staging, srid, ext.psqlStdout, conn.db, runlog);
        outcome := FinishLoaded(staging, srid, ext.psqlStdout);
        AppendAssoc(old(dataImport.events), [UpdateLogged(command)], rest.events);
      }
    }

    /** shp.rb:49-105: the steps after a successful load. */
    method FinishLoaded(staging: string, srid: string, psqlStdout: string) returns (outcome: Outcome)
      modifies this, runlog, dataImport, conn
      ensures var e := LoadedEffects(config, staging, srid, psqlStdout, conn.db, runlog);
        && loaderLog == old(loaderLog)
        && runlog.log == old(runlog.log)
        && runlog.stdout == old(runlog.stdout) + e.stdout
        && runlog.err == old(runlog.err) + e.err
        && dataImport.events == old(dataImport.events) + e.events
        && conn.issued == old(conn.issued) + e.issued
        && tableCreated == (old(tableCreated) || e.createsTable)
        && files == old(files) + e.files
        && outcome == e.outcome
    {
      ghost var rp := ReprojectionStep(staging, srid, conn.db);
      ghost var rn := RenameStep(staging, config.suggestedName, conn.db);
      ghost var err0, events0, issued0, files0 := runlog.err, dataImport.events, conn.issued, files;
      ghost var e := LoadedEffects(config, staging, srid, psqlStdout, conn.db, runlog);
      assert e.err == rp.err + rn.err;
      assert e.events == rp.events + rn.events;
      assert e.issued == rp.issued + rn.issued + [CountRows(config.suggestedName)];
      if psqlStdout != "" {
        runlog.stdout := runlog.stdout + [psqlStdout];
      }
      RunReprojection(staging, srid);
      RunRename(staging);
      RemoveEntries();
      var countException, rows := conn.FirstCount(CountRows(config.suggestedName));
      AppendAssoc(err0, rp.err, rn.err);
      AppendAssoc(events0, rp.events, rn.events);
      AppendAssoc3(issued0, rp.issued, rn.issued, [CountRows(config.suggestedName)]);
      if countException.Some? {
        outcome := Raised(countException.value);
      } else {
        files := files + [ImportFileUnlinked];
        AppendAssoc(files0, RemovalEvents(config.entries), [ImportFileUnlinked]);
        outcome := Imported(Payload(config.suggestedName, rows, config.importType, runlog));
      }
    }

    /** shp.rb:66-81, with its rescue clause. */
    method RunReprojection(staging: string, srid: string)
      modifies runlog`err, dataImport, conn
      ensures var e := ReprojectionStep(staging, srid, conn.db);
        && runlog.err == old(runlog.err) + e.err
        && dataImport.events == old(dataImport.events) + e.events
        && conn.issued == old(conn.issued) + e.issued
    {
      if srid != TargetSrid {
        ghost var rp := Reproject(staging, conn.db);
        assert ReprojectionStep(staging, srid, conn.db)
            == StepEffects(Listed(rp.exception), ReprojectionEvents(srid, rp.exception), rp.issued);
        dataImport.LogUpdate(ReprojectingMessage(srid));
        var exception := ReprojectStaging(staging);
        if exception.Some? {
          runlog.err := runlog.err + [exception.value];
          dataImport.SetErrorCode(7);
          dataImport.LogError(exception.value);
          dataImport.LogError(ConvertFailedMessage(srid));
        }
      }
    }

    /** shp.rb:83-91, with its rescue clause. */
    method RunRename(staging: string)
      modifies this`tableCreated, runlog`err, dataImport, conn
      ensures var e := RenameStep(staging, config.suggestedName, conn.db);
        && runlog.err == old(runlog.err) + e.err
        && dataImport.events == old(dataImport.events) + e.events
        && conn.issued == old(conn.issued) + e.issued
        && tableCreated == (old(tableCreated) || conn.db.Fails(RenameTable(staging, config.suggestedName)).None?)
    {
      var exception := conn.Run(RenameTable(staging, config.suggestedName));
      if exception.None? {
        tableCreated := true;
      } else {
        runlog.err := runlog.err + [exception.value];
        dataImport.SetErrorCode(9);
        dataImport.LogError(exception.value);
        dataImport.LogError(RenameFailedMessage(staging, config.suggestedName));
      }
    }
  }
}
