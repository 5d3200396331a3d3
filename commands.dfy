/**
 * The strings the shapefile loader builds: the connection flags, the staging
 * table name, the command lines of the normalizer and of the
 * shp2pgsql | psql pipeline, the SQL statements it sends to the database,
 * and its log messages (lib/importer/lib/cartodb-importer/loaders/shp.rb).
 */
module ShpCommands {

  import opened Wrappers
  import opened RubyText

  /**
   * The connection settings the loader reads. A value is None when the key
   * is absent or its value is nil or false; any other value, the empty
   * string included, is truthy in Ruby. Values are kept as the text string interpolation produces.
   */
  datatype DbConfig = DbConfig(
    host: Option<string>,
    port: Option<string>,
    username: Option<string>,
    database: Option<string>)

  /** The SRID the loader reprojects to, and compares the normalizer's SRID field with. */
  const TargetSrid: string := "4326"

  const StagingPrefix: string := "importing_"

  // The fixed options of the command lines.
  const PythonFlags: string := " -Wignore "
  const Shp2pgsqlFlags: string := " -D -i -g the_geom -W "
  const PsqlFlags: string := " -w -d "

  /** `-h <host>` when a host is configured, nothing otherwise. */
  function HostFlag(c: DbConfig): string {
    if c.host.Some? then "-h " + c.host.value else ""
  }

  /** `-p <port>` when a port is configured, nothing otherwise. */
  function PortFlag(c: DbConfig): string {
    if c.port.Some? then "-p " + c.port.value else ""
  }

  /** The table the import is loaded into before it is renamed, from the clock value in seconds. */
  function StagingName(timestamp: int, suggested: string): string {
    StagingPrefix + IntToDecimal(timestamp) + "_" + suggested
  }

  /** The normalizer invocation: python, the script, the quoted source path and the staging name. */
  function NormalizerCommand(python: string, script: string, path: string, staging: string): string {
    python + PythonFlags + script + " \"" + path + "\" " + staging
  }

  /**
   * The shp2pgsql invocation as the loader logs it, from the four normalizer
   * fields: SRID, encoding, quoted shapefile path and the stripped table name.
   */
  function Shp2pgsqlCommand(bin: string, f: seq<string>): string
    requires |f| == 4
  {
    bin + " -s " + f[0] + Shp2pgsqlFlags + f[1] + " \"" + f[2] + "\" " + Strip(f[3])
  }

  /**
   * The command the loader starts: the shp2pgsql invocation spelled out again,
   * piped into psql with the connection flags; a missing user name or
   * database interpolates as nothing.
   */
  function PipelineCommand(bin: string, f: seq<string>, psql: string, c: DbConfig): string
    requires |f| == 4
  {
    bin + " -s " + f[0] + Shp2pgsqlFlags + f[1] + " \"" + f[2] + "\" " + Strip(f[3])
    + " | " + psql + " " + HostFlag(c) + " " + PortFlag(c)
    + " -U " + c.username.GetOr("") + PsqlFlags + c.database.GetOr("")
  }

  // ----- SQL statements -----

  // The fixed text of the statements, kept as named constants.
  const SqlAlterTable: string := "ALTER TABLE "
  const SqlRenameGeometryTail: string := " RENAME COLUMN the_geom TO the_geom_orig;"
  const SqlProbeHead: string := "SELECT GeometryType(the_geom_orig) as type from "
  const SqlProbeTail: string := " LIMIT 1"
  const SqlAddGeometryHead: string := "SELECT AddGeometryColumn('"
  const SqlAddGeometryMiddle: string := "','the_geom',4326, '"
  const SqlAddGeometryTail: string := "', 2);"
  const SqlUpdateHead: string := "UPDATE \""
  const SqlTransformTail: string := "\" SET the_geom = ST_Force_2D(ST_Transform(the_geom_orig, 4326))"
  const SqlDropGeometryTail: string := " DROP COLUMN the_geom_orig"
  const SqlCreateIndexHead: string := "CREATE INDEX \""
  const SqlIndexNameTail: string := "_the_geom_gist\" ON \""
  const SqlIndexTail: string := "\" USING GIST (the_geom)"
  const SqlRenameTableMiddle: string := "\" RENAME TO \""
  const SqlCountHead: string := "SELECT count(*) as count from \""

  function RenameGeometryColumn(t: string): string {
    SqlAlterTable + t + SqlRenameGeometryTail
  }

  function ProbeGeometryType(t: string): string {
    SqlProbeHead + t + SqlProbeTail
  }

  function AddGeometryColumn(t: string, geomType: string): string {
    SqlAddGeometryHead + t + SqlAddGeometryMiddle + geomType + SqlAddGeometryTail
  }

  function TransformGeometry(t: string): string {
    SqlUpdateHead + t + SqlTransformTail
  }

  function DropOriginalGeometry(t: string): string {
    SqlAlterTable + t + SqlDropGeometryTail
  }

  function CreateGeometryIndex(t: string): string {
    SqlCreateIndexHead + t + SqlIndexNameTail + t + SqlIndexTail
  }

  /** The six reprojection statements in the order they are issued. */
  function ReprojectionStatements(t: string, geomType: string): seq<string> {
    [RenameGeometryColumn(t), ProbeGeometryType(t), AddGeometryColumn(t, geomType),
     TransformGeometry(t), DropOriginalGeometry(t), CreateGeometryIndex(t)]
  }

  function RenameTable(staging: string, suggested: string): string {
    SqlAlterTable + "\"" + staging + SqlRenameTableMiddle + suggested + "\""
  }

  function CountRows(suggested: string): string {
    SqlCountHead + suggested + "\""
  }

  // ----- messages -----

  const NormalizerErrorHead: string := "Error running python shp_normalizer script: "
  const RunningHead: string := "Running shp2pgsql: "
  const SqlFailedHead: string := "ERROR: failed to generate SQL from "
  const ReprojectingHead: string := "reprojecting the_geom column from "
  const ReprojectingTail: string := " to 4326"
  const ConvertFailedHead: string := "ERROR: unable to convert EPSG:"
  const ConvertFailedTail: string := " to EPSG:4326"
  const RenameFailedHead: string := "ERROR: unable to rename \""
  const RenameFailedMiddle: string := "\" to \""

  const ProcessingMessage: string := "processing shp"
  const NormalizerRunning: string := "running shp normalizer"
  const NormalizerFailed: string := "ERROR: shp_normalizer script failed"

  function NormalizerErrorLine(cmd: string): string {
    NormalizerErrorHead + cmd
  }

  function RunningMessage(cmd: string): string {
    RunningHead + cmd
  }

  function SqlFailedMessage(path: string): string {
    SqlFailedHead + path
  }

  function ReprojectingMessage(srid: string): string {
    ReprojectingHead + srid + ReprojectingTail
  }

  function ConvertFailedMessage(srid: string): string {
    ConvertFailedHead + srid + ConvertFailedTail
  }

  function RenameFailedMessage(staging: string, suggested: string): string {
    RenameFailedHead + staging + RenameFailedMiddle + suggested + "\""
  }

  // ----- properties -----

  /**
   * A flag is empty exactly when its setting is absent, nil or false; a
   * truthy setting, even the empty string, gives the option letter and the value.
   */
  lemma FlagsEmptyIffAbsent(c: DbConfig)
    ensures HostFlag(c) == "" <==> c.host.None?
    ensures PortFlag(c) == "" <==> c.port.None?
    ensures c.host.Some? ==> HostFlag(c)[..3] == "-h " && HostFlag(c)[3..] == c.host.value
    ensures c.port.Some? ==> PortFlag(c)[..3] == "-p " && PortFlag(c)[3..] == c.port.value
  {
    if c.host.Some? {
      assert |HostFlag(c)| >= 3;
    }
    if c.port.Some? {
      assert |PortFlag(c)| >= 3;
    }
  }

  /** The executed pipeline starts with exactly the shp2pgsql command the loader logs. */
  lemma PipelineExtendsLoggedCommand(bin: string, f: seq<string>, psql: string, c: DbConfig)
    requires |f| == 4
    ensures PipelineCommand(bin, f, psql, c) == Shp2pgsqlCommand(bin, f) + " | " + psql + " " + HostFlag(c)
      + " " + PortFlag(c) + " -U " + c.username.GetOr("") + PsqlFlags + c.database.GetOr("")
  {
  }

  /**
   * The logged command ends with the table field stripped of its surrounding
   * blanks, so in the pipeline no line break separates it from the pipe.
   */
  lemma LoggedCommandEndsWithTable(bin: string, f: seq<string>)
    requires |f| == 4
    ensures var logged, t := Shp2pgsqlCommand(bin, f), Strip(f[3]);
      && |t| <= |logged| && logged[|logged| - |t|..] == t
      && (t != [] ==> !IsTrailingBlank(logged[|logged| - 1]))
  {
    var t := Strip(f[3]);
    StripKeepsMiddle(f[3]);
    var head := bin + " -s " + f[0] + Shp2pgsqlFlags + f[1] + " \"" + f[2] + "\" ";
    EndsWith(head, t);
  }

  lemma EndsWith(head: string, t: string)
    ensures (head + t)[|head + t| - |t|..] == t
    ensures t != [] ==> (head + t)[|head + t| - 1] == t[|t| - 1]
  {
  }

  /** Every staging name starts with the prefix and ends with "_" and the suggested name. */
  lemma StagingNameShape(timestamp: int, suggested: string)
    ensures var s := StagingName(timestamp, suggested);
      && s[..|StagingPrefix|] == StagingPrefix
      && s[|s| - |suggested| - 1..] == "_" + suggested
      && s != suggested
  {
    var s := StagingName(timestamp, suggested);
    IntToDecimalAlphabet(timestamp);
    assert s == StagingPrefix + (IntToDecimal(timestamp) + "_" + suggested);
    assert |s| > |suggested|;
  }

  /** Two strings without '_' each followed by "_" are told apart by the first '_'. */
  lemma SplitAtUnderscore(a: string, x: string, b: string, y: string)
    requires Absent('_', a) && Absent('_', b)
    requires a + "_" + x == b + "_" + y
    ensures a == b && x == y
  {
    IndexOfAfter(a, '_', x);
    IndexOfAfter(b, '_', y);
    assert a + "_" + x == a + ['_'] + x;
    assert b + "_" + y == b + ['_'] + y;
    var s := a + "_" + x;
    assert a == s[..|a|] && b == s[..|b|];
    assert x == s[|a| + 1..] && y == s[|b| + 1..];
  }

  /**
   * The staging name determines both the clock value and the suggested name:
   * two imports collide on a staging table only when they start in the same
   * second with the same suggested name.
   */
  lemma StagingNameInjective(t1: int, n1: string, t2: int, n2: string)
    requires StagingName(t1, n1) == StagingName(t2, n2)
    ensures t1 == t2 && n1 == n2
  {
    var a, b := IntToDecimal(t1), IntToDecimal(t2);
    IntToDecimalAlphabet(t1);
    IntToDecimalAlphabet(t2);
    var s := StagingName(t1, n1);
    assert s == StagingPrefix + (a + "_" + n1);
    assert s == StagingPrefix + (b + "_" + n2);
    assert a + "_" + n1 == s[|StagingPrefix|..] == b + "_" + n2;
    SplitAtUnderscore(a, n1, b, n2);
    IntToDecimalInjective(t1, t2);
  }
}
