# Shapefile loader: a Dafny model of `CartoDB::Import::SHP#process!`

This project models the step of the CartoDB importer that loads a
shapefile into PostGIS (`lib/importer/lib/cartodb-importer/loaders/shp.rb`).
The step works like this:

1. It runs the Python normalizer on the source file and splits the
   normalizer's output with `split(/, */, 4)` into SRID, encoding, shapefile
   path and table name.
2. It aborts with error code 4 unless there are exactly four fields.
3. It builds the shp2pgsql command line and the `shp2pgsql | psql`
   pipeline from those fields, the `which shp2pgsql` path and the database
   configuration, then runs the pipeline. The table shp2pgsql loads into is
   the stripped fourth field, the table the normalizer names. The normalizer
   is passed the staging name `importing_<seconds>_<suggested name>` and is
   expected to return it, but nothing in the loader ties the two together:
   the reprojection and the rename below always work on the staging name,
   whatever the fourth field says.
4. It aborts with error code 8 when the checked exit status is not zero.
5. It records psql's output, reprojects the staging table to EPSG:4326
   with six statements unless the SRID field is `4326`, and renames the
   staging table to the suggested name. Failures of these are recorded
   with error codes 7 and 9 and do not stop the run.
6. It removes the extracted entries, counts the rows, unlinks the import
   file and returns a payload with the name, row count, import type and
   run log.

The model has six modules:

- `Wrappers`: an `Option` type.
- `RubyText`: `String#strip` and `Integer#to_s`, with their properties.
- `RubySplit`: `String#split` with the pattern `/, */` and a positive limit:
  - at most `limit - 1` cuts;
  - the spaces after a comma belong to the separator;
  - the last piece keeps the rest, commas included;
  - trailing empty pieces are kept;
  - the empty string splits into no pieces.
- `ShpCommands`: the names, flags, command lines, SQL statements and
  messages the loader builds, as string functions with their properties.
- `ShpLoader`: the objects `process!` changes, as classes that record
  what is done to them:
  - the run log (`RunLog.log`, `RunLog.stdout`, `RunLog.err`);
  - the calls on the `DataImport` record (`DataImport.events`);
  - the statements sent to the connection (`Connection.issued`);
  - the loader's `table_created` flag, its `log` lines and the files it
    removes (`Loader`).

  `Loader.Process` is the imperative rendering of `process!`. Its
  contract ties every piece of new state, and the outcome, to the
  specification function `ProcessEffects`. The outcome is one of:
  - `Aborted(code, message)`, a raise after code 4 or 8;
  - `Raised(exception)`, the exception of the row count query;
  - `Imported(payload)`, the normal return.
- `ShpLoaderProperties`: lemmas about `ProcessEffects`:
  - when the run stops, and with which error code;
  - which statements reach the database, and in which order;
  - when the table is created;
  - what the payload holds.

The external programs and the clock are inputs (`External`):
- the output of `which shp2pgsql`;
- the normalizer's output;
- the exit status tested at line 42;
- what psql prints;
- `Time.now.to_i`.

The database is an oracle (`Database`). For each statement text it gives:
- the exception the statement raises, if any;
- the `type` of the geometry probe's first row;
- the `count` of the count query's first row.

A query without a row makes `.first[...]` raise the NoMethodError of indexing
`nil`:
- in the reprojection block, that exception is rescued as code 7;
- at the row count, nothing rescues it, so it escapes (`Raised`).

Points where the code does something other than it seems to:

- On code 8, line 44 logs `err`, whose assignment (line 41) is commented
  out. The model assumes `err` evaluates to `nil` there and records the
  call as `NilErrorLogged` (see `ShpLoader.DataImport.LogNilError` under
  "Left out" for the other reading).
- The exit status tested at line 42 is `$?`. `Open3.popen3` without a block
  does not wait for its child, so `$?` is the status of the last backtick
  command, not psql's. The model takes it as an opaque input
  (`External.lastStatus`) and claims nothing about whose status it is.
- "Exactly four fields" with limit 4 means "at least three commas"
  (`RubySplit.FourFieldsIffThreeCommas`). Field 0 is not trimmed, so an
  output starting `4326 ,` counts as a different SRID and is reprojected.

## Model

| member | source | states |
|---|---|---|
| RubySplit.Split | lib/importer/lib/cartodb-importer/loaders/shp.rb:21 | `split(/, */, limit)` yields at most `limit` pieces, and no pieces exactly for the empty output |
| RubySplit.SplitFromCount | lib/importer/lib/cartodb-importer/loaders/shp.rb:21 | a non-empty output splits into one more piece than it has commas, capped at the limit |
| RubySplit.FourFieldsIffThreeCommas | lib/importer/lib/cartodb-importer/loaders/shp.rb:21-23 | the output has exactly four fields if and only if it contains at least three commas |
| RubySplit.SplitFromReassembles | lib/importer/lib/cartodb-importer/loaders/shp.rb:21 | nothing is lost: every separator is a comma followed only by spaces, there is one fewer separator than pieces, and joining the pieces with them gives back the output |
| RubySplit.SplitFromPieces | lib/importer/lib/cartodb-importer/loaders/shp.rb:21 | no piece before the last holds a comma; no piece after a cut starts with a space; the last piece holds a comma only when the limit was reached, so the fourth field keeps later commas verbatim |
| RubySplit.SplitFromCommas | lib/importer/lib/cartodb-importer/loaders/shp.rb:21 | only the last piece can hold a comma, and only once the limit is reached |
| RubySplit.SplitFromNoLeadingSpace | lib/importer/lib/cartodb-importer/loaders/shp.rb:21 | the spaces after a comma go into the separator, never into the next piece |
| RubySplit.SplitFromFirstIsPrefix | lib/importer/lib/cartodb-importer/loaders/shp.rb:21 | the first piece is a prefix of the output |
| RubySplit.FirstPieceUntrimmed | lib/importer/lib/cartodb-importer/loaders/shp.rb:21-66 | the first field is everything before the first comma, blanks included, so it is the exact text later compared with "4326" |
| RubySplit.SplitFromStep | lib/importer/lib/cartodb-importer/loaders/shp.rb:21 | a comma-free piece, a comma and a rest not starting with a space split into that piece followed by the pieces of the rest |
| RubySplit.LastPieceIsLast | lib/importer/lib/cartodb-importer/loaders/shp.rb:21 | the last piece is what remains after the cuts |
| RubySplit.SplitFromTrailingComma | lib/importer/lib/cartodb-importer/loaders/shp.rb:21 | for an output ending in a comma, what remains after the cuts is empty if and only if there are fewer commas than the limit |
| RubySplit.SplitKeepsTrailingEmpty | lib/importer/lib/cartodb-importer/loaders/shp.rb:21 | trailing empty fields are kept: an output ending in a comma has an empty last field if and only if it has fewer commas than the limit |
| RubyText.LStripSuffix | lib/importer/lib/cartodb-importer/loaders/shp.rb:11 | lstrip keeps the longest suffix that does not start with a blank |
| RubyText.RStripPrefix | lib/importer/lib/cartodb-importer/loaders/shp.rb:11 | rstrip keeps the longest prefix that does not end with a blank or NUL |
| RubyText.StripKeepsMiddle | lib/importer/lib/cartodb-importer/loaders/shp.rb:11-34 | strip returns a contiguous piece of its input that neither starts nor ends with a blank, and removes only blanks before it and blanks or NULs after it |
| RubyText.StripIdempotent | lib/importer/lib/cartodb-importer/loaders/shp.rb:11-34 | stripping twice is stripping once |
| RubyText.IndexOfFirst | lib/importer/lib/cartodb-importer/loaders/shp.rb:21 | no comma comes before the one where the first cut is made |
| RubyText.IndexOfAfter | lib/importer/lib/cartodb-importer/loaders/shp.rb:16-21 | in `p + [c] + q`, where `p` has no `c`, the first `c` is the one right after `p` |
| RubyText.DecimalRoundTrip | lib/importer/lib/cartodb-importer/loaders/shp.rb:16 | reading back the digits `to_s` gives for a natural number yields that number |
| RubyText.IntToDecimalSign | lib/importer/lib/cartodb-importer/loaders/shp.rb:16 | the printed clock value starts with a minus sign exactly when it is negative |
| RubyText.IntToDecimalInjective | lib/importer/lib/cartodb-importer/loaders/shp.rb:16 | different clock values print differently |
| ShpCommands.FlagsEmptyIffAbsent | lib/importer/lib/cartodb-importer/loaders/shp.rb:13-14 | the host and port flags are empty exactly when the setting is absent, nil or false; otherwise they are `-h ` and `-p ` followed by the setting, even an empty one |
| ShpCommands.StagingNameShape | lib/importer/lib/cartodb-importer/loaders/shp.rb:16 | the staging name starts with `importing_`, ends with `_` and the suggested name, and always differs from the suggested name |
| ShpCommands.StagingNameInjective | lib/importer/lib/cartodb-importer/loaders/shp.rb:16 | the staging name determines both the clock value and the suggested name, so two runs share a staging table only when they start in the same second with the same name |
| ShpCommands.PipelineExtendsLoggedCommand | lib/importer/lib/cartodb-importer/loaders/shp.rb:34-35 | the executed pipeline is the logged shp2pgsql command followed by `| <psql> <host> <port> -U <user> -w -d <database>` |
| ShpCommands.LoggedCommandEndsWithTable | lib/importer/lib/cartodb-importer/loaders/shp.rb:34-35 | the logged command ends with the stripped table field, so it never ends with a blank when that field is not blank |
| ShpLoader.CountException | lib/importer/lib/cartodb-importer/loaders/shp.rb:94 | reading the row count raises nothing exactly when the query succeeds and returns a row |
| ShpLoader.Connection.Run | lib/importer/lib/cartodb-importer/loaders/shp.rb:69-84 | `run` records the statement and raises the oracle's exception for it |
| ShpLoader.Connection.FirstType | lib/importer/lib/cartodb-importer/loaders/shp.rb:70 | the probe records the statement, raises the oracle's exception, and otherwise gives the first row's type, or no row |
| ShpLoader.Connection.FirstCount | lib/importer/lib/cartodb-importer/loaders/shp.rb:94 | the count query records the statement and raises its own exception, or the NoMethodError of a missing row, or gives the count |
| ShpLoader.DataImport.SetErrorCode | lib/importer/lib/cartodb-importer/loaders/shp.rb:27-88 | `set_error_code` appends the code to the record's calls |
| ShpLoader.DataImport.LogError | lib/importer/lib/cartodb-importer/loaders/shp.rb:28-90 | `log_error` appends the message to the record's calls |
| ShpLoader.DataImport.LogNilError | lib/importer/lib/cartodb-importer/loaders/shp.rb:41-44 | `log_error(err)` with the never-assigned `err` appends a nil message |
| ShpLoader.DataImport.LogUpdate | lib/importer/lib/cartodb-importer/loaders/shp.rb:18-67 | `log_update` appends the message to the record's calls |
| ShpLoader.Loader.Log | lib/importer/lib/cartodb-importer/loaders/shp.rb:10-37 | the loader's `log` helper appends the line to the loader's log |
| ShpLoader.Loader.Process | lib/importer/lib/cartodb-importer/loaders/shp.rb:7-106 | one run appends exactly what `ProcessEffects` says to the loader log, the run log's three lists, the record's calls, the issued statements and the removed files; it sets `table_created` exactly when that says; it ends with that outcome |
| ShpLoader.Loader.AbortNormalizer | lib/importer/lib/cartodb-importer/loaders/shp.rb:23-32 | wrong field count: append the error line to `log` and the raw output to `stdout`; record code 4, then the command, the output and the failure message; abort with the error line |
| ShpLoader.Loader.RunWithFields | lib/importer/lib/cartodb-importer/loaders/shp.rb:34-105 | with four fields: record the command and log the pipeline; on a non-zero status record code 8, the nil `err` and the path message, then abort; otherwise go on as `LoadedEffects` says |
| ShpLoader.Loader.FinishLoaded | lib/importer/lib/cartodb-importer/loaders/shp.rb:49-105 | after the load: record non-empty psql output, then reproject, rename, remove the entries and count the rows; unlink the import file and return the payload only when the count succeeds |
| ShpLoader.Loader.RunReprojection | lib/importer/lib/cartodb-importer/loaders/shp.rb:66-81 | unless the SRID field is "4326": record the progress update and run the block, and record an exception in `err` with code 7, the exception and the conversion message |
| ShpLoader.Loader.ReprojectStaging | lib/importer/lib/cartodb-importer/loaders/shp.rb:68-74 | issues the statements `Reproject` lists, in order, and ends with its exception |
| ShpLoader.Loader.RunRename | lib/importer/lib/cartodb-importer/loaders/shp.rb:83-91 | issues the rename; sets `table_created` exactly when it succeeds; otherwise records the exception in `err` and code 9 with the exception and a message naming both tables |
| ShpLoader.Loader.RemoveEntries | lib/importer/lib/cartodb-importer/loaders/shp.rb:93 | removes the entries one by one, in order |
| ShpLoaderProperties.NormalizerFailure | lib/importer/lib/cartodb-importer/loaders/shp.rb:21-32 | the run stops with code 4 exactly when the output has fewer than three commas; it then sends no statement, removes no file, creates no table, logs the error line and the raw output; the record's calls are exactly the normalizer update, code 4, the command, the raw output and the failure message, in that order |
| ShpLoaderProperties.FieldsOutcome | lib/importer/lib/cartodb-importer/loaders/shp.rb:23 | with four fields the run never stops with code 4 |
| ShpLoaderProperties.LoadFailure | lib/importer/lib/cartodb-importer/loaders/shp.rb:34-47 | with four fields and a non-zero or missing status the run stops with code 8 and the path message; no statement, removal, table or run-log entry; the events are the two updates, code 8, the nil `err` and the path message |
| ShpLoaderProperties.LoadedShape | lib/importer/lib/cartodb-importer/loaders/shp.rb:10-51 | once both guards pass, the run is the after-load steps behind the two log lines and the two progress updates |
| ShpLoaderProperties.StatementsOnlyWhenLoaded | lib/importer/lib/cartodb-importer/loaders/shp.rb:23-94 | the database sees a statement if and only if both guards pass |
| ShpLoaderProperties.LoadedStatements | lib/importer/lib/cartodb-importer/loaders/shp.rb:66-94 | a loaded run issues the reprojection statements (only when the SRID field is not "4326"), then the rename, then the count; more than two statements exactly when it reprojects |
| ShpLoaderProperties.ReprojectionShape | lib/importer/lib/cartodb-importer/loaders/shp.rb:68-80 | the block issues a non-empty prefix of the six statements in their fixed order; all but the last succeed; it goes past the probe exactly when the first two statements succeed and the probe returns a row; it raises nothing exactly when all six succeed; otherwise it raises the last statement's exception, or the missing row's NoMethodError after the probe |
| ShpLoaderProperties.LoadedErrorCodes | lib/importer/lib/cartodb-importer/loaders/shp.rb:66-91 | a loaded run records code 7 when the reprojection raised, then code 9 when the rename raised, and no other code |
| ShpLoaderProperties.ReprojectionPolicy | lib/importer/lib/cartodb-importer/loaders/shp.rb:66-80 | when the SRID field is not "4326", the reprojection update naming it follows the two load updates; if the block raised, code 7, the exception and the message naming both SRIDs follow, and the exception is the first line of `err` |
| ShpLoaderProperties.ReprojectionCodes | lib/importer/lib/cartodb-importer/loaders/shp.rb:67-79 | a reprojection records code 7 exactly when it raised |
| ShpLoaderProperties.RenameCodes | lib/importer/lib/cartodb-importer/loaders/shp.rb:86-90 | a rename records code 9 exactly when it raised |
| ShpLoaderProperties.RenamePolicy | lib/importer/lib/cartodb-importer/loaders/shp.rb:83-94 | the table is created exactly when the rename succeeds; a failed rename ends the events with code 9, the exception and the message naming both tables, puts the exception last in `err`, and the count query on the suggested name is still the last statement |
| ShpLoaderProperties.LoadedOutcome | lib/importer/lib/cartodb-importer/loaders/shp.rb:93-105 | a loaded run returns a payload exactly when the count query answers; the payload holds the suggested name, the counted rows, the import type and the run log; the entries are removed either way; the import file is unlinked only on return |
| ShpLoaderProperties.StdoutPolicy | lib/importer/lib/cartodb-importer/loaders/shp.rb:23-51 | `stdout` gets the raw normalizer output on code 4; it gets psql's output after a zero status when that output is not empty; otherwise it gets nothing |
| ShpLoaderProperties.ReportedCommand | lib/importer/lib/cartodb-importer/loaders/shp.rb:34-37 | the second progress update is the shp2pgsql command, which ends with the stripped table field; the second log line runs exactly that command into psql |

## Left out

- Running programs is not modelled: `which shp2pgsql`, the backtick
  normalizer call, `Open3.popen3` and the Python normalizer script. What they
  print, and the status `$?` holds at line 42, are inputs (`External`).
- PostGIS is not modelled: `GeometryType`, `AddGeometryColumn`,
  `ST_Transform`, `ST_Force_2D` and the GIST index. The model only records
  statements as text, and the database answers from a fixed oracle keyed by
  statement text. Nothing is claimed about the table's geometry afterwards.
- `DataImport.find` (line 8) and how `set_error_code`, `log_error` and
  `log_update` store their arguments are external. Their calls are recorded
  as events in order.
- `FileUtils.rm_rf` and `@import_from_file.unlink` are recorded as file
  events; their effect on the file system is not modelled.
- `to_import_hash` (line 105) is defined outside this file and is not part
  of this model. The payload is the one value of the result that is modelled.
- `Time.now` is an input, the clock value in seconds.
- The inherited `log` helper is only recorded as a list of lines.
- Configuration values are kept as the text string interpolation makes of
  them. Their Ruby types are not modelled.
- `raise` is modelled as the `Aborted` outcome. The exception's class and
  its backtrace are not modelled.
- What raises inside the reprojection block is modelled only as the message
  in the oracle. Exceptions that `rescue Exception` would also catch but do
  not come from the database (interrupts, out of memory) are not modelled.
- The end-to-end acceptance test of the web table API is not part of this
  model. It exercises code outside this loader.
- `ShpLoader.DataImport.LogNilError`: line 44 reads `err`, whose assignment
  is commented out. Whether Ruby passes `nil` or raises a NameError there
  depends on methods of the base loader that are not part of this model. The
  model takes the `nil` reading. Under the NameError reading the run would
  raise right after recording code 8, without the path message of line 45;
  the model does not capture that path.
- `RubyText.LStripSuffix`: the blanks `strip` removes follow the Ruby
  releases of the time: space, tab, line feed, vertical tab, form feed and
  carriage return, plus NUL at the end only. Other Unicode spaces are not
  removed, and no encoding is modelled.
