/**
 * DeadsideParserValidator: the path part of the parser self-check. It
 * builds the log file path the log parser reads and tests the first
 * server's paths against the expected layouts; every failed layout test
 * is only a warning.
 */
module ParserValidator {
  import opened Wrappers
  import opened JavaStrings
  import opened Domain
  import opened PathResolution

  const LOG_FILE_NAME: string := "/Deadside.log"

  /** The deathlog layout test of validateCsvFilePaths. */
  predicate CsvStructureOk(path: string)
  {
    Contains(path, "/actual1/deathlogs") || Contains(path, "\\actual1\\deathlogs")
  }

  /** The log file layout test of validateLogFilePaths. */
  predicate LogFileStructureOk(path: string)
  {
    Contains(path, "/Logs/Deadside.log") || Contains(path, "\\Logs\\Deadside.log")
  }

  /** The log file path built from the host and server segments when the configured directory is unusable. */
  function FallbackLogPath(s: Identity): (r: string)
    ensures LogFileStructureOk(r)
    ensures NullOrEmpty(s.serverId) ==>
      exists token :: NoWhitespace(token) && r == HostOf(s) + "_" + token + "/Logs/Deadside.log"
  {
    var r := HostOf(s) + "_" + ServerToken(s) + "/Logs/Deadside.log";
    ContainsInfix(HostOf(s) + "_" + ServerToken(s), "/Logs/Deadside.log", "");
    assert HostOf(s) + "_" + ServerToken(s) + "/Logs/Deadside.log" + "" == r;
    r
  }

  /**
   * getServerLogPath: the configured log directory plus "/Deadside.log"
   * when it passes the log directory shape check, else the fallback path.
   */
  function GetServerLogPath(server: GameServer): (r: string)
    reads server
    ensures EndsWith(r, LOG_FILE_NAME)
    ensures IsValidLogPath(server.logDirectory) ==> r == server.logDirectory.value + LOG_FILE_NAME
    ensures !IsValidLogPath(server.logDirectory) ==> r == FallbackLogPath(server.ident) && LogFileStructureOk(r)
  {
    if IsValidLogPath(server.logDirectory) then server.logDirectory.value + LOG_FILE_NAME
    else
      var r := FallbackLogPath(server.ident);
      assert r == HostOf(server.ident) + "_" + ServerToken(server.ident) + "/Logs" + LOG_FILE_NAME;
      r
  }

  /** The CSV layout test is stricter than PathResolutionFix's CSV shape check. */
  lemma CsvStructureImpliesValid(path: string)
    ensures CsvStructureOk(path) ==> IsValidCsvPath(Some(path))
  {
  }

  /** A directory the shape check accepts can still fail the layout test. */
  lemma ValidCsvPathMayLackStructure()
    ensures IsValidCsvPath(Some("/actual/deathlogs")) && !CsvStructureOk("/actual/deathlogs")
  {
    var p := "/actual/deathlogs";
    assert StartsWith(p, "/actual/deathlogs");
    NotContainsMissingChar(p, "/actual1/deathlogs", '1');
    NotContainsMissingChar(p, "\\actual1\\deathlogs", '1');
  }

  /** A configured directory ending in "/Logs" gives a path that passes the log file layout test. */
  lemma ConfiguredLogsDirectoryPasses(server: GameServer, prefix: string)
    requires server.logDirectory == Some(prefix + "/Logs")
    ensures LogFileStructureOk(GetServerLogPath(server))
  {
    ContainsInfix(prefix, "/Logs", "");
    assert prefix + "/Logs" + "" == prefix + "/Logs";
    assert IsValidLogPath(server.logDirectory);
    ContainsInfix(prefix, "/Logs/Deadside.log", "");
    assert prefix + "/Logs" + LOG_FILE_NAME == prefix + "/Logs/Deadside.log" + "";
  }

  /**
   * A configured Windows-style directory is kept, yet the path built from
   * it mixes separators and fails the log file layout test.
   */
  lemma ConfiguredBackslashLogsFails(server: GameServer)
    requires server.logDirectory == Some("\\Logs")
    ensures GetServerLogPath(server) == "\\Logs/Deadside.log"
    ensures !LogFileStructureOk(GetServerLogPath(server))
  {
    assert StartsWith("\\Logs", "\\Logs");
    assert IsValidLogPath(server.logDirectory);
    var p := "\\Logs/Deadside.log";
    assert GetServerLogPath(server) == p;
    if Contains(p, "/Logs/Deadside.log") {
      ContainsSameLength(p, "/Logs/Deadside.log");
    }
    if Contains(p, "\\Logs\\Deadside.log") {
      ContainsSameLength(p, "\\Logs\\Deadside.log");
    }
  }

  /**
   * What one path validation reports: whether it passed, the path it
   * checked, and whether that path followed the expected layout (a path
   * that does not is logged as a warning only).
   */
  datatype PathCheck = PathCheck(passed: bool, checkedPath: Option<string>, followsLayout: bool)

  /**
   * validateCsvFilePaths on the servers gathered guild by guild: passes
   * with nothing to test when there are none; testing the first server's
   * null CSV directory throws, which fails the validation; otherwise it
   * passes whatever the layout test and the file listing say.
   */
  function ValidateCsvFilePaths(servers: seq<GameServer>): (r: PathCheck)
    reads set s | s in servers
    ensures r.passed <==> |servers| == 0 || servers[0].deathlogsDirectory.Some?
    ensures r.checkedPath.Some? ==> |servers| > 0 && r.checkedPath == servers[0].deathlogsDirectory
    ensures r.followsLayout <==> r.checkedPath.Some? && CsvStructureOk(r.checkedPath.value)
    ensures r.followsLayout ==> IsValidCsvPath(r.checkedPath)
  {
    if |servers| == 0 then PathCheck(true, None, false)
    else match servers[0].deathlogsDirectory
      case None => PathCheck(false, None, false)
      case Some(dir) =>
        CsvStructureImpliesValid(dir);
        PathCheck(true, Some(dir), CsvStructureOk(dir))
  }

  /**
   * validateLogFilePaths on the gathered servers: it always passes; when
   * there is a server it tests the log file path of the first one, which
   * follows the layout whenever the fallback path was built.
   */
  function ValidateLogFilePaths(servers: seq<GameServer>): (r: PathCheck)
    reads set s | s in servers
    ensures r.passed
    ensures r.checkedPath.Some? <==> |servers| > 0
    ensures r.checkedPath.Some? ==> EndsWith(r.checkedPath.value, LOG_FILE_NAME)
    ensures r.followsLayout <==> r.checkedPath.Some? && LogFileStructureOk(r.checkedPath.value)
    ensures |servers| > 0 && !IsValidLogPath(servers[0].logDirectory) ==> r.followsLayout
  {
    if |servers| == 0 then PathCheck(true, None, false)
    else
      var p := GetServerLogPath(servers[0]);
      PathCheck(true, Some(p), LogFileStructureOk(p))
  }
}
