/**
 * What one run of CartoDB::Import::SHP#process! does, stated about the
 * specification ProcessEffects that Loader.Process is proved to follow:
 * when it stops and with which error code, which statements reach the
 * database and in which order, when the table is created, and what the
 * payload holds.
 */
module ShpLoaderProperties {

  import opened Wrappers
  import opened RubyText
  import opened RubySplit
  import opened ShpCommands
  import opened ShpLoader

  /** The fields the normalizer's output splits into (shp.rb:21). */
  function Fields(ext: External): seq<string> {
    Split(ext.normalizerOutput, 4)
  }

  /** The staging table of this run (shp.rb:16). */
  function Staging(cfg: LoaderConfig, ext: External): string {
    StagingName(ext.timestamp, cfg.suggestedName)
  }

  /** The run got past both guards: four fields, and a zero exit status after the load. */
  predicate Loaded(ext: External) {
    CommaCount(ext.normalizerOutput) >= 3 && ext.lastStatus == Some(0)
  }

  /** The error codes the run records, in order. */
  function ErrorCodes(events: seq<ImportEvent>): seq<int> {
    if events == [] then []
    else (if events[0].ErrorCodeSet? then [events[0].code] else []) + ErrorCodes(events[1..])
  }

  lemma {:induction false} ErrorCodesAppend(a: seq<ImportEvent>, b: seq<ImportEvent>)
    ensures ErrorCodes(a + b) == ErrorCodes(a) + ErrorCodes(b)
    decreases |a|
  {
    if a == [] {
      assert a + b == b;
    } else {
      assert (a + b)[0] == a[0];
      assert (a + b)[1..] == a[1..] + b;
      ErrorCodesAppend(a[1..], b);
    }
  }

  /** The error codes of a sequence that starts with `x`. */
  lemma ErrorCodesCons(x: ImportEvent, rest: seq<ImportEvent>)
    ensures ErrorCodes([x] + rest) == (if x.ErrorCodeSet? then [x.code] else []) + ErrorCodes(rest)
  {
    assert ([x] + rest)[0] == x;
    assert ([x] + rest)[1..] == rest;
  }

  /** The file removals name the entries one by one, in order. */
  lemma {:induction false} RemovalEventsPointwise(entries: seq<string>)
    ensures |RemovalEvents(entries)| == |entries|
    ensures forall i :: 0 <= i < |entries| ==> RemovalEvents(entries)[i] == TreeRemoved(entries[i])
    decreases |entries|
  {
    if entries != [] {
      RemovalEventsPointwise(entries[..|entries| - 1]);
    }
  }

  /** process! once the output has split into four fields: a prefix of log lines and events before FieldsEffects. */
  lemma FieldsShape(cfg: LoaderConfig, ext: External, db: Database, runlog: RunLog)
    requires CommaCount(ext.normalizerOutput) >= 3
    ensures |Fields(ext)| == 4
    ensures var bin := Strip(ext.whichOutput);
      var rest := FieldsEffects(cfg, ext, Shp2pgsqlCommand(bin, Fields(ext)),
                                PipelineCommand(bin, Fields(ext), cfg.psqlBin, cfg.db),
                                Staging(cfg, ext), Fields(ext)[0], db, runlog);
      ProcessEffects(cfg, ext, db, runlog)
        == rest.(loaderLog := [ProcessingMessage] + rest.loaderLog,
                 events := [UpdateLogged(NormalizerRunning)] + rest.events)
  {
    FourFieldsIffThreeCommas(ext.normalizerOutput);
  }

  /** After a zero exit status, FieldsEffects is LoadedEffects behind one log line and one event. */
  lemma FieldsLoaded(cfg: LoaderConfig, ext: External, command: string, pipeline: string,
                     staging: string, srid: string, db: Database, runlog: RunLog)
    requires ext.lastStatus == Some(0)
    ensures var rest := LoadedEffects(cfg, staging, srid, ext.psqlStdout, db, runlog);
      FieldsEffects(cfg, ext, command, pipeline, staging, srid, db, runlog)
        == rest.(loaderLog := [RunningMessage(pipeline)], events := [UpdateLogged(command)] + rest.events)
  {
  }

  /**
   * The normalizer step fails (error code 4) exactly when its output holds
   * fewer than three commas; it then sends nothing to the database, removes
   * nothing, and records the normalizer command and its output.
   */
  lemma NormalizerFailure(cfg: LoaderConfig, ext: External, db: Database, runlog: RunLog)
    ensures var e := ProcessEffects(cfg, ext, db, runlog);
      e.outcome.Aborted? && e.outcome.code == 4 <==> CommaCount(ext.normalizerOutput) < 3
    ensures var e := ProcessEffects(cfg, ext, db, runlog);
      var normalizer := NormalizerCommand(cfg.pythonBin, cfg.normalizerScript, cfg.path, Staging(cfg, ext));
      CommaCount(ext.normalizerOutput) < 3 ==>
        && e.outcome == Aborted(4, NormalizerErrorLine(normalizer))
        && e.issued == [] && e.files == [] && !e.createsTable
        && e.loaderLog == [ProcessingMessage]
        && e.log == [NormalizerErrorLine(normalizer)]
        && e.stdout == [ext.normalizerOutput] && e.err == []
        && e.events == [UpdateLogged(NormalizerRunning), ErrorCodeSet(4), ErrorLogged(normalizer),
                        ErrorLogged(ext.normalizerOutput), ErrorLogged(NormalizerFailed)]
        && ErrorCodes(e.events) == [4]
  {
    if CommaCount(ext.normalizerOutput) < 3 {
      FourFieldsIffThreeCommas(ext.normalizerOutput);
      var e := ProcessEffects(cfg, ext, db, runlog);
      var normalizer := NormalizerCommand(cfg.pythonBin, cfg.normalizerScript, cfg.path, Staging(cfg, ext));
      var tail := [ErrorLogged(normalizer), ErrorLogged(ext.normalizerOutput), ErrorLogged(NormalizerFailed)];
      assert e.events == [UpdateLogged(NormalizerRunning)] + ([ErrorCodeSet(4)] + tail);
      ErrorCodesCons(UpdateLogged(NormalizerRunning), [ErrorCodeSet(4)] + tail);
      ErrorCodesCons(ErrorCodeSet(4), tail);
      NoErrorCodes(tail);
    } else {
      FieldsOutcome(cfg, ext, db, runlog);
    }
  }

  /** Logged messages carry no error code. */
  lemma NoErrorCodes(events: seq<ImportEvent>)
    requires forall i :: 0 <= i < |events| ==> !events[i].ErrorCodeSet?
    ensures ErrorCodes(events) == []
    decreases |events|
  {
    if events != [] {
      NoErrorCodes(events[1..]);
    }
  }

  /** Once the output has split into four fields, the run never stops with code 4. */
  lemma FieldsOutcome(cfg: LoaderConfig, ext: External, db: Database, runlog: RunLog)
    requires CommaCount(ext.normalizerOutput) >= 3
    ensures !(ProcessEffects(cfg, ext, db, runlog).outcome.Aborted?
              && ProcessEffects(cfg, ext, db, runlog).outcome.code == 4)
  {
    FieldsShape(cfg, ext, db, runlog);
  }

  /**
   * After the normalizer succeeds, a non-zero (or missing) exit status
   * stops the run with code 8 before any statement is sent or any file is
   * removed; the last events are the code, the never-assigned `err` and the
   * failure message.
   */
  lemma LoadFailure(cfg: LoaderConfig, ext: External, db: Database, runlog: RunLog)
    requires CommaCount(ext.normalizerOutput) >= 3 && ext.lastStatus != Some(0)
    ensures var e := ProcessEffects(cfg, ext, db, runlog);
      && e.outcome == Aborted(8, SqlFailedMessage(cfg.path))
      && e.issued == [] && e.files == [] && !e.createsTable
      && e.stdout == [] && e.err == [] && e.log == []
      && |e.events| == 5
      && e.events[0] == UpdateLogged(NormalizerRunning)
      && e.events[1] == UpdateLogged(Shp2pgsqlCommand(Strip(ext.whichOutput), Fields(ext)))
      && e.events[2..] == [ErrorCodeSet(8), NilErrorLogged, ErrorLogged(SqlFailedMessage(cfg.path))]
      && ErrorCodes(e.events) == [8]
  {
    FieldsShape(cfg, ext, db, runlog);
    var e := ProcessEffects(cfg, ext, db, runlog);
    var command := UpdateLogged(Shp2pgsqlCommand(Strip(ext.whichOutput), Fields(ext)));
    var tail := [NilErrorLogged, ErrorLogged(SqlFailedMessage(cfg.path))];
    assert e.events == [UpdateLogged(NormalizerRunning)] + ([command] + ([ErrorCodeSet(8)] + tail));
    ErrorCodesCons(UpdateLogged(NormalizerRunning), [command] + ([ErrorCodeSet(8)] + tail));
    ErrorCodesCons(command, [ErrorCodeSet(8)] + tail);
    ErrorCodesCons(ErrorCodeSet(8), tail);
    NoErrorCodes(tail);
  }

  /**
   * Both guards passed: the effects of the run are those of the steps after
   * the load, preceded by the two log lines and the two progress updates.
   */
  lemma LoadedShape(cfg: LoaderConfig, ext: External, db: Database, runlog: RunLog)
    requires Loaded(ext)
    ensures |Fields(ext)| == 4
    ensures var e := ProcessEffects(cfg, ext, db, runlog);
      var bin := Strip(ext.whichOutput);
      var rest := LoadedEffects(cfg, Staging(cfg, ext), Fields(ext)[0], ext.psqlStdout, db, runlog);
      e == rest.(loaderLog := [ProcessingMessage, RunningMessage(PipelineCommand(bin, Fields(ext), cfg.psqlBin, cfg.db))],
                 events := [UpdateLogged(NormalizerRunning), UpdateLogged(Shp2pgsqlCommand(bin, Fields(ext)))] + rest.events)
  {
    FieldsShape(cfg, ext, db, runlog);
    var bin, f := Strip(ext.whichOutput), Fields(ext);
    var command, pipeline := Shp2pgsqlCommand(bin, f), PipelineCommand(bin, f, cfg.psqlBin, cfg.db);
    FieldsLoaded(cfg, ext, command, pipeline, Staging(cfg, ext), f[0], db, runlog);
    PrependTwice(ProcessEffects(cfg, ext, db, runlog),
                 FieldsEffects(cfg, ext, command, pipeline, Staging(cfg, ext), f[0], db, runlog),
                 LoadedEffects(cfg, Staging(cfg, ext), f[0], ext.psqlStdout, db, runlog),
                 ProcessingMessage, RunningMessage(pipeline), UpdateLogged(NormalizerRunning), UpdateLogged(command));
  }

  /** Two steps that each put a log line and an event in front compose into one. */
  lemma PrependTwice(e: Effects, mid: Effects, rest: Effects, l1: string, l2: string, u1: ImportEvent, u2: ImportEvent)
    requires e == mid.(loaderLog := [l1] + mid.loaderLog, events := [u1] + mid.events)
    requires mid == rest.(loaderLog := [l2], events := [u2] + rest.events)
    ensures e == rest.(loaderLog := [l1, l2], events := [u1, u2] + rest.events)
  {
    assert [u1] + ([u2] + rest.events) == [u1, u2] + rest.events;
  }

  /** The database sees a statement exactly when both guards passed. */
  lemma StatementsOnlyWhenLoaded(cfg: LoaderConfig, ext: External, db: Database, runlog: RunLog)
    ensures ProcessEffects(cfg, ext, db, runlog).issued != [] <==> Loaded(ext)
  {
    FourFieldsIffThreeCommas(ext.normalizerOutput);
    if Loaded(ext) {
      LoadedShape(cfg, ext, db, runlog);
    } else if CommaCount(ext.normalizerOutput) < 3 {
      NormalizerFailure(cfg, ext, db, runlog);
    } else {
      LoadFailure(cfg, ext, db, runlog);
    }
  }

  /**
   * The statements of a loaded run: the reprojection's (only when the SRID
   * field is not 4326), then the rename of the staging table, then the row
   * count of the suggested name. The rename and the count are sent whatever
   * the reprojection did.
   */
  lemma LoadedStatements(cfg: LoaderConfig, ext: External, db: Database, runlog: RunLog)
    requires Loaded(ext)
    ensures |Fields(ext)| == 4
    ensures var e := ProcessEffects(cfg, ext, db, runlog);
      var t := Staging(cfg, ext);
      var reprojection := if Fields(ext)[0] == TargetSrid then [] else Reproject(t, db).issued;
      e.issued == reprojection + [RenameTable(t, cfg.suggestedName), CountRows(cfg.suggestedName)]
    ensures var e := ProcessEffects(cfg, ext, db, runlog);
      |e.issued| > 2 <==> Fields(ext)[0] != TargetSrid
  {
    LoadedShape(cfg, ext, db, runlog);
    ReprojectionShape(Staging(cfg, ext), db);
  }

  /**
   * The begin block at shp.rb:68-74 sends a non-empty prefix of its six
   * statements, every one but the last of them succeeding; it goes past the
   * probe exactly when the first two statements succeed and the probe
   * returns a row; it ends without
   * an exception only when all six succeed, and otherwise with the last
   * statement's exception, or the NoMethodError of a probe without a row.
   */
  lemma ReprojectionShape(t: string, db: Database)
    ensures var r := Reproject(t, db);
      var probe := db.FirstType(ProbeGeometryType(t));
      && 1 <= |r.issued| <= 6
      && (|r.issued| > 2 <==> db.Fails(RenameGeometryColumn(t)).None? && db.Fails(ProbeGeometryType(t)).None? && probe.Some?)
      && r.issued == ReprojectionStatements(t, probe.GetOr(""))[..|r.issued|]
      && (forall i :: 0 <= i < |r.issued| - 1 ==> db.Fails(r.issued[i]).None?)
      && (r.exception.None? <==> |r.issued| == 6 && db.Fails(r.issued[5]).None?)
      && r.exception == (if |r.issued| == 2 && db.Fails(r.issued[1]).None? then Some(NoRowError)
                         else db.Fails(r.issued[|r.issued| - 1]))
  {
  }

  /**
   * The error codes of a loaded run: 7 when the reprojection raised, then 9
   * when the rename raised. Neither stops the run.
   */
  lemma LoadedErrorCodes(cfg: LoaderConfig, ext: External, db: Database, runlog: RunLog)
    requires Loaded(ext)
    ensures |Fields(ext)| == 4
    ensures var t := Staging(cfg, ext);
      var reprojectionFailed := Fields(ext)[0] != TargetSrid && Reproject(t, db).exception.Some?;
      var renameFailed := db.Fails(RenameTable(t, cfg.suggestedName)).Some?;
      ErrorCodes(ProcessEffects(cfg, ext, db, runlog).events)
        == (if reprojectionFailed then [7] else []) + (if renameFailed then [9] else [])
  {
    LoadedShape(cfg, ext, db, runlog);
    var bin := Strip(ext.whichOutput);
    var t := Staging(cfg, ext);
    var srid := Fields(ext)[0];
    var rp := ReprojectionStep(t, srid, db);
    var rn := RenameStep(t, cfg.suggestedName, db);
    var head := [UpdateLogged(NormalizerRunning), UpdateLogged(Shp2pgsqlCommand(bin, Fields(ext)))];
    ErrorCodesAppend(head, rp.events + rn.events);
    ErrorCodesAppend(rp.events, rn.events);
    NoErrorCodes(head);
    if srid != TargetSrid {
      ReprojectionCodes(srid, Reproject(t, db).exception);
    }
    RenameCodes(t, cfg.suggestedName, db.Fails(RenameTable(t, cfg.suggestedName)));
  }

  /**
   * The events of the reprojection in a loaded run: when the SRID field is
   * not "4326", the progress update naming it comes right after the two
   * updates of the load; if the block raised, code 7, the exception and the
   * message naming both SRIDs follow, and the exception is the first line of
   * the run log's err.
   */
  lemma ReprojectionPolicy(cfg: LoaderConfig, ext: External, db: Database, runlog: RunLog)
    requires Loaded(ext)
    ensures |Fields(ext)| == 4
    ensures var e := ProcessEffects(cfg, ext, db, runlog);
      var srid := Fields(ext)[0];
      var exception := Reproject(Staging(cfg, ext), db).exception;
      srid != TargetSrid ==>
        && |e.events| >= 3
        && e.events[2] == UpdateLogged(ReprojectingMessage(srid))
        && (exception.Some? ==>
              && |e.events| >= 6 && |e.err| >= 1
              && e.events[3..6] == [ErrorCodeSet(7), ErrorLogged(exception.value), ErrorLogged(ConvertFailedMessage(srid))]
              && e.err[0] == exception.value)
  {
    LoadedShape(cfg, ext, db, runlog);
  }

  /** A reprojection records code 7 exactly when it raised. */
  lemma ReprojectionCodes(srid: string, exception: Option<string>)
    ensures ErrorCodes(ReprojectionEvents(srid, exception)) == if exception.Some? then [7] else []
  {
    var failure := if exception.Some?
      then [ErrorCodeSet(7), ErrorLogged(exception.value), ErrorLogged(ConvertFailedMessage(srid))]
      else [];
    ErrorCodesCons(UpdateLogged(ReprojectingMessage(srid)), failure);
    if exception.Some? {
      ErrorCodesCons(ErrorCodeSet(7), failure[1..]);
      assert failure == [ErrorCodeSet(7)] + failure[1..];
      NoErrorCodes(failure[1..]);
    }
  }

  /** A rename records code 9 exactly when it raised. */
  lemma RenameCodes(staging: string, suggested: string, exception: Option<string>)
    ensures ErrorCodes(RenameEvents(staging, suggested, exception)) == if exception.Some? then [9] else []
  {
    if exception.Some? {
      var events := RenameEvents(staging, suggested, exception);
      assert events == [ErrorCodeSet(9)] + events[1..];
      ErrorCodesCons(ErrorCodeSet(9), events[1..]);
      NoErrorCodes(events[1..]);
    }
  }

  /**
   * The table is created exactly when the rename succeeds; a failed rename
   * records code 9, the exception and the failure message, and the run
   * goes on to count the rows.
   */
  lemma RenamePolicy(cfg: LoaderConfig, ext: External, db: Database, runlog: RunLog)
    requires Loaded(ext)
    ensures var e := ProcessEffects(cfg, ext, db, runlog);
      var t := Staging(cfg, ext);
      var exception := db.Fails(RenameTable(t, cfg.suggestedName));
      && (e.createsTable <==> exception.None?)
      && (exception.Some? ==>
            e.events[|e.events| - 3..]
              == [ErrorCodeSet(9), ErrorLogged(exception.value), ErrorLogged(RenameFailedMessage(t, cfg.suggestedName))]
            && e.err[|e.err| - 1] == exception.value)
      && e.issued[|e.issued| - 1] == CountRows(cfg.suggestedName)
  {
    LoadedShape(cfg, ext, db, runlog);
  }

  /**
   * How a loaded run ends: it returns the payload, naming the suggested
   * table with the counted rows, the import type and the run log, and
   * unlinks the import file after removing the entries, exactly when the
   * count query answers; otherwise the count's exception escapes with the
   * entries already removed and the file kept.
   */
  lemma LoadedOutcome(cfg: LoaderConfig, ext: External, db: Database, runlog: RunLog)
    requires Loaded(ext)
    ensures var e := ProcessEffects(cfg, ext, db, runlog);
      var count := CountRows(cfg.suggestedName);
      && (e.outcome.Imported? <==> db.Fails(count).None? && db.FirstCount(count).Some?)
      && (e.outcome.Imported? ==>
            && e.outcome.payload == Payload(cfg.suggestedName, db.FirstCount(count).value, cfg.importType, runlog)
            && e.files == RemovalEvents(cfg.entries) + [ImportFileUnlinked])
      && (!e.outcome.Imported? ==>
            && e.outcome == Raised(CountException(db, count).value)
            && e.files == RemovalEvents(cfg.entries))
  {
    LoadedShape(cfg, ext, db, runlog);
  }

  /**
   * What the run writes to the run log's stdout: the normalizer's output
   * when the normalizer step fails, psql's output when the load succeeded
   * and printed something, and nothing otherwise.
   */
  lemma StdoutPolicy(cfg: LoaderConfig, ext: External, db: Database, runlog: RunLog)
    ensures ProcessEffects(cfg, ext, db, runlog).stdout
      == if CommaCount(ext.normalizerOutput) < 3 then [ext.normalizerOutput]
         else if ext.lastStatus == Some(0) && ext.psqlStdout != "" then [ext.psqlStdout]
         else []
  {
    FourFieldsIffThreeCommas(ext.normalizerOutput);
  }

  /**
   * The shp2pgsql command the run reports names the stripped fourth field
   * as its last word, and the pipeline the loader logs runs exactly that
   * command into psql.
   */
  lemma ReportedCommand(cfg: LoaderConfig, ext: External, db: Database, runlog: RunLog)
    requires CommaCount(ext.normalizerOutput) >= 3
    ensures |Fields(ext)| == 4
    ensures var e := ProcessEffects(cfg, ext, db, runlog);
      var command := Shp2pgsqlCommand(Strip(ext.whichOutput), Fields(ext));
      && e.events[1] == UpdateLogged(command)
      && command[|command| - |Strip(Fields(ext)[3])|..] == Strip(Fields(ext)[3])
      && e.loaderLog[1] == RunningMessage(PipelineCommand(Strip(ext.whichOutput), Fields(ext), cfg.psqlBin, cfg.db))
      && PipelineCommand(Strip(ext.whichOutput), Fields(ext), cfg.psqlBin, cfg.db)[..|command|] == command
  {
    FourFieldsIffThreeCommas(ext.normalizerOutput);
    LoggedCommandEndsWithTable(Strip(ext.whichOutput), Fields(ext));
    PipelineExtendsLoggedCommand(Strip(ext.whichOutput), Fields(ext), cfg.psqlBin, cfg.db);
  }
}
